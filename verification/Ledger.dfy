/**
 The token ledger: append-only signed rows, and the balance that is replayed from them.

 A balance is drawn from two pools. Grants are perishable and are spent first; purchases are
 kept. A debit that overshoots both pools is carried as a negative purchased pool, and an
 expiry row takes back what is left of a grant, clamped at zero.
 */
module Ledger {
  import opened Prelude

  datatype Kind = Grant | Purchase | Usage | Refund | Adjustment | Expiry

  /** What a row's idempotency key names. The store keeps it as a prefixed string. */
  datatype Reference =
    | Unreferenced
    | ForInvoice(id: string)
    | ForRun(id: string)
    | ForGrant(plan: string, renewsAt: int)
    | ForExpiry(plan: string, renewsAt: int)
    | OnChain(plan: string, started: int)
    | Other(text: string)

  datatype Entry = Entry(
    account: string,
    kind: Kind,
    tokens: int,       // signed: positive credits, negative debits
    at: int,           // microseconds
    amount: int,       // USD micros
    reference: Reference)

  /** The two running totals of a replay, before the final clamp. */
  datatype Pools = Pools(granted: int, purchased: int)

  datatype Balance = Balance(account: string, granted: int, purchased: int) {
    function Total(): int { granted + purchased }

    predicate CanAfford(tokens: int) { Total() >= tokens }
  }

  // ---------- the replay ----------

  function Apply(p: Pools, e: Entry): Pools {
    match e.kind
    case Grant => p.(granted := p.granted + e.tokens)
    case Expiry => p.(granted := Max(0, p.granted + e.tokens))
    case Purchase => p.(purchased := p.purchased + e.tokens)
    case Refund => p.(purchased := p.purchased + e.tokens)
    case _ =>
      var owed := -e.tokens;
      var fromGrant := Min(p.granted, owed);
      Pools(p.granted - fromGrant, p.purchased - (owed - fromGrant))
  }

  function Replay(rows: seq<Entry>): Pools {
    if rows == [] then Pools(0, 0) else Apply(Replay(rows[..|rows| - 1]), rows[|rows| - 1])
  }

  /** The final clamp: a debt is taken out of the grant before either pool is floored at zero. */
  function Close(account: string, p: Pools): Balance {
    var granted := if p.purchased < 0 then p.granted + p.purchased else p.granted;
    Balance(account, Max(0, granted), Max(0, p.purchased))
  }

  function BalanceOf(account: string, rows: seq<Entry>): Balance {
    Close(account, Replay(rows))
  }

  /** The loop over an account's entries, oldest first. */
  method ComputeBalance(account: string, entries: seq<Entry>) returns (b: Balance)
    ensures b == BalanceOf(account, entries)
  {
    var granted, purchased := 0, 0;
    for i := 0 to |entries|
      invariant Pools(granted, purchased) == Replay(entries[..i])
    {
      assert entries[..i + 1][..i] == entries[..i];
      var entry := entries[i];
      if entry.kind.Grant? {
        granted := granted + entry.tokens;
      } else if entry.kind.Expiry? {
        granted := Max(0, granted + entry.tokens);
      } else if entry.kind in CREDITS {
        purchased := purchased + entry.tokens;
      } else {
        var owed := -entry.tokens;
        var fromGrant := Min(granted, owed);
        granted := granted - fromGrant;
        purchased := purchased - (owed - fromGrant);
      }
    }
    assert entries[..|entries|] == entries;
    if purchased < 0 {
      granted := granted + purchased;
      purchased := 0;
    }
    b := Balance(account, Max(0, granted), Max(0, purchased));
  }

  lemma ReplayAppend(rows: seq<Entry>, e: Entry)
    ensures Replay(rows + [e]) == Apply(Replay(rows), e)
  {
    assert (rows + [e])[..|rows|] == rows;
  }

  // ---------- what a balance means ----------

  const CREDITS: set<Kind> := {Grant, Purchase, Refund}
  const EVERYTHING: set<Kind> := {Grant, Purchase, Usage, Refund, Adjustment, Expiry}

  /** The signed sum of the rows of the given kinds. */
  function SumOf(rows: seq<Entry>, kinds: set<Kind>): int {
    if rows == [] then 0
    else
      SumOf(rows[..|rows| - 1], kinds)
      + (if rows[|rows| - 1].kind in kinds then rows[|rows| - 1].tokens else 0)
  }

  function Signed(rows: seq<Entry>): int { SumOf(rows, EVERYTHING) }

  /** How much of an expiry row the clamp at zero throws away on replay. */
  function Excess(p: Pools, e: Entry): nat {
    if e.kind.Expiry? && p.granted + e.tokens < 0 then -(p.granted + e.tokens) else 0
  }

  function Clamped(rows: seq<Entry>): nat {
    if rows == [] then 0
    else Clamped(rows[..|rows| - 1]) + Excess(Replay(rows[..|rows| - 1]), rows[|rows| - 1])
  }

  /** Tokens only come into existence through `credit`, which refuses a negative amount. */
  ghost predicate Lawful(rows: seq<Entry>) {
    forall i :: 0 <= i < |rows| && rows[i].kind.Grant? ==> rows[i].tokens >= 0
  }

  lemma {:induction false} PoolsAddUp(rows: seq<Entry>)
    ensures Replay(rows).granted + Replay(rows).purchased == Signed(rows) + Clamped(rows)
    ensures Lawful(rows) ==> Replay(rows).granted >= 0
  {
    if rows != [] {
      PoolsAddUp(rows[..|rows| - 1]);
    }
  }

  /**
   The balance of every lawful ledger is the signed sum of its rows, plus whatever clamped
   expiries forgave; so it is exactly the signed sum just when nothing was forgiven, or when
   the account is in debt all the same.
   */
  lemma BalanceIsSignedSum(account: string, rows: seq<Entry>)
    requires Lawful(rows)
    ensures BalanceOf(account, rows).Total() == Max(0, Signed(rows) + Clamped(rows))
    ensures BalanceOf(account, rows).Total() == Max(0, Signed(rows))
            <==> Clamped(rows) == 0 || Signed(rows) + Clamped(rows) <= 0
  {
    PoolsAddUp(rows);
  }

  lemma SumAppend(rows: seq<Entry>, e: Entry, kinds: set<Kind>)
    ensures SumOf(rows + [e], kinds) == SumOf(rows, kinds) + (if e.kind in kinds then e.tokens else 0)
  {
    assert (rows + [e])[..|rows|] == rows;
  }

  /** An expiry forgives exactly what it takes back beyond the grant it finds on replay. */
  lemma ExpiryForgivesItsExcess(rows: seq<Entry>, row: Entry)
    requires Lawful(rows) && row.kind.Expiry? && row.tokens <= 0
    ensures Lawful(rows + [row])
    ensures Clamped(rows + [row]) == Clamped(rows) + Max(0, -row.tokens - Replay(rows).granted)
    ensures Signed(rows + [row]) == Signed(rows) + row.tokens
  {
    PoolsAddUp(rows);
    SumAppend(rows, row, EVERYTHING);
    ClampedAppend(rows, row);
  }

  lemma ClampedAppend(rows: seq<Entry>, row: Entry)
    ensures Clamped(rows + [row]) == Clamped(rows) + Excess(Replay(rows), row)
  {
    assert (rows + [row])[..|rows|] == rows;
  }

  // ---------- what was spent ----------

  datatype UsageSummary = UsageSummary(tokens: int, runs: nat, cost: int)

  predicate Counts(e: Entry, since: Option<int>) {
    e.kind.Usage? && (since.None? || e.at >= since.value)
  }

  function UsageOf(rows: seq<Entry>, since: Option<int>): UsageSummary {
    if rows == [] then UsageSummary(0, 0, 0)
    else
      var rest, e := UsageOf(rows[..|rows| - 1], since), rows[|rows| - 1];
      if Counts(e, since) then UsageSummary(rest.tokens - e.tokens, rest.runs + 1, rest.cost + e.amount)
      else rest
  }

  method SummariseUsage(entries: seq<Entry>, since: Option<int>) returns (summary: UsageSummary)
    ensures summary == UsageOf(entries, since)
  {
    var tokens, cost := 0, 0;
    var runs: nat := 0;
    for i := 0 to |entries|
      invariant UsageSummary(tokens, runs, cost) == UsageOf(entries[..i], since)
    {
      assert entries[..i + 1][..i] == entries[..i];
      var entry := entries[i];
      if !entry.kind.Usage? {
        continue;
      }
      if since.Some? && entry.at < since.value {
        continue;
      }
      tokens, runs, cost := tokens - entry.tokens, runs + 1, cost + entry.amount;
    }
    assert entries[..|entries|] == entries;
    summary := UsageSummary(tokens, runs, cost);
  }

  /** Lifetime usage, credits, expiries and adjustments account for every signed token. */
  lemma {:induction false} RowsReconcile(rows: seq<Entry>)
    ensures Signed(rows) ==
            SumOf(rows, CREDITS) - UsageOf(rows, None).tokens + SumOf(rows, {Expiry}) + SumOf(rows, {Adjustment})
  {
    if rows != [] {
      RowsReconcile(rows[..|rows| - 1]);
    }
  }

  // ---------- closing a period ----------

  /** The expiry row the service writes: minus exactly the grant the balance still shows. */
  function ExpireRows(rows: seq<Entry>, account: string, at: int, reference: Reference): seq<Entry> {
    var granted := BalanceOf(account, rows).granted;
    if granted <= 0 then rows else rows + [Entry(account, Expiry, -granted, at, 0, reference)]
  }

  function GrantRow(account: string, tokens: nat, at: int, reference: Reference): Entry {
    Entry(account, Grant, tokens, at, 0, reference)
  }

  /** An expiry written from the current balance is never clamped, debt or no debt. */
  lemma ExpiryIsNeverClamped(rows: seq<Entry>, account: string, at: int, reference: Reference)
    requires Lawful(rows)
    ensures Clamped(ExpireRows(rows, account, at, reference)) == Clamped(rows)
    ensures BalanceOf(account, ExpireRows(rows, account, at, reference)).granted == 0
    ensures BalanceOf(account, ExpireRows(rows, account, at, reference)).purchased == BalanceOf(account, rows).purchased
  {
    PoolsAddUp(rows);
    var after := ExpireRows(rows, account, at, reference);
    if after != rows {
      assert after[..|rows|] == rows;
    }
  }

  /** Which of a renewal's two rows land: a row whose key is taken does not. */
  datatype Landing = Landing(expiry: bool, grant: bool)

  const BOTH := Landing(true, true)

  function RenewRows(rows: seq<Entry>, account: string, tokens: nat, at: int,
                     closing: Reference, opening: Reference, landing: Landing): seq<Entry> {
    (if landing.expiry then ExpireRows(rows, account, at, closing) else rows)
    + (if landing.grant then [GrantRow(account, tokens, at, opening)] else [])
  }

  /** What a renewal leaves: a debt comes out of what it grants before anything can be held over. */
  function RenewedBalance(rows: seq<Entry>, account: string, tokens: nat, landing: Landing): Balance {
    var kept := if landing.expiry then 0 else BalanceOf(account, rows).granted;
    var given := if landing.grant then tokens else 0;
    var S := Signed(rows);
    Balance(account, if S >= 0 then kept + given else Max(0, given + S), BalanceOf(account, rows).purchased)
  }

  /**
   Closed form of one renewal, with S the signed sum before it. When both rows land nothing
   rolls over, nothing bought is lost, and a debt comes out of the new grant; when the expiry
   does not, the old grant is kept on top, and when the grant does not, nothing is given.
   */
  lemma RenewalClosedForm(rows: seq<Entry>, account: string, tokens: nat, at: int,
                          closing: Reference, opening: Reference, landing: Landing)
    requires Lawful(rows) && Clamped(rows) == 0
    ensures
      var after := RenewRows(rows, account, tokens, at, closing, opening, landing);
      && Lawful(after) && Clamped(after) == 0
      && BalanceOf(account, after) == RenewedBalance(rows, account, tokens, landing)
      && Signed(after) == Signed(rows) - (if landing.expiry then BalanceOf(account, rows).granted else 0)
                          + (if landing.grant then tokens else 0)
  {
    PoolsAddUp(rows);
    RenewedPools(rows, account, tokens, at, closing, opening, landing);
    ClosesInClosedForm(account, Replay(rows), tokens, landing);
  }

  /** The pools a renewal leaves, from those it found. */
  function PoolsRenewed(account: string, p: Pools, tokens: nat, landing: Landing): Pools {
    Pools(p.granted - (if landing.expiry then Close(account, p).granted else 0)
          + (if landing.grant then tokens else 0), p.purchased)
  }

  lemma RenewedPools(rows: seq<Entry>, account: string, tokens: nat, at: int,
                     closing: Reference, opening: Reference, landing: Landing)
    requires Lawful(rows)
    ensures
      var after := RenewRows(rows, account, tokens, at, closing, opening, landing);
      && Lawful(after) && Clamped(after) == Clamped(rows)
      && Replay(after) == PoolsRenewed(account, Replay(rows), tokens, landing)
      && Signed(after) == Signed(rows) - (if landing.expiry then BalanceOf(account, rows).granted else 0)
                          + (if landing.grant then tokens else 0)
  {
    var expired := if landing.expiry then ExpireRows(rows, account, at, closing) else rows;
    ClosingInClosedForm(rows, account, at, closing);
    if landing.grant {
      OneMoreGrantRow(expired, GrantRow(account, tokens, at, opening));
    } else {
      assert expired + [] == expired;
    }
  }

  lemma ClosesInClosedForm(account: string, p: Pools, tokens: nat, landing: Landing)
    requires p.granted >= 0
    ensures
      var was, S := Close(account, p), p.granted + p.purchased;
      var kept := if landing.expiry then 0 else was.granted;
      var given := if landing.grant then tokens else 0;
      Close(account, PoolsRenewed(account, p, tokens, landing)) ==
      Balance(account, if S >= 0 then kept + given else Max(0, given + S), was.purchased)
  {
  }

  lemma ClosingInClosedForm(rows: seq<Entry>, account: string, at: int, closing: Reference)
    requires Lawful(rows)
    ensures
      var expired := ExpireRows(rows, account, at, closing);
      && Lawful(expired) && Clamped(expired) == Clamped(rows)
      && Replay(expired).purchased == Replay(rows).purchased
      && Replay(expired).granted == Replay(rows).granted - BalanceOf(account, rows).granted
      && Signed(expired) == Signed(rows) - BalanceOf(account, rows).granted
  {
    ExpiryIsNeverClamped(rows, account, at, closing);
    PoolsAddUp(rows);
    var expired := ExpireRows(rows, account, at, closing);
    if expired != rows {
      assert expired[..|rows|] == rows;
    }
  }

  lemma OneMoreGrantRow(rows: seq<Entry>, row: Entry)
    requires row.kind.Grant? && row.tokens >= 0 && Lawful(rows)
    ensures Lawful(rows + [row]) && Clamped(rows + [row]) == Clamped(rows)
    ensures Signed(rows + [row]) == Signed(rows) + row.tokens
    ensures Replay(rows + [row]) == Pools(Replay(rows).granted + row.tokens, Replay(rows).purchased)
  {
    assert (rows + [row])[..|rows|] == rows;
  }

  /** A run of renewals with nothing else in between; `openings` names the periods. */
  function Renewals(rows: seq<Entry>, account: string, tokens: nat,
                    periods: seq<(int, Reference, Reference)>): seq<Entry> {
    if periods == [] then rows
    else
      var (at, closing, opening) := periods[|periods| - 1];
      RenewRows(Renewals(rows, account, tokens, periods[..|periods| - 1]), account, tokens, at, closing, opening, BOTH)
  }

  /** What weeks of renewals that granted `worked` tokens in all leave of the rows they began with. */
  ghost predicate WorkedOff(rows: seq<Entry>, account: string, tokens: nat, worked: int, after: seq<Entry>) {
    var S := Signed(rows);
    && Lawful(after) && Clamped(after) == 0
    && BalanceOf(account, after).purchased == BalanceOf(account, rows).purchased
    && BalanceOf(account, after).granted == (if S >= 0 then tokens else Max(0, Min(tokens, S + worked)))
    && Signed(after) == (if S >= 0 then tokens + BalanceOf(account, rows).purchased else Min(tokens, S + worked))
  }

  /** By induction over the weeks, with what they granted added up. */
  lemma {:induction false} RenewalsWorkOff(rows: seq<Entry>, account: string, tokens: nat,
                                           periods: seq<(int, Reference, Reference)>)
    requires Lawful(rows) && Clamped(rows) == 0 && periods != []
    ensures WorkedOff(rows, account, tokens, GrantedOver(|periods|, tokens), Renewals(rows, account, tokens, periods))
  {
    var (at, closing, opening) := periods[|periods| - 1];
    var before := periods[..|periods| - 1];
    if before == [] {
      assert Renewals(rows, account, tokens, before) == rows;
      FirstRenewal(rows, account, tokens, at, closing, opening);
    } else {
      var middle := Renewals(rows, account, tokens, before);
      RenewalsWorkOff(rows, account, tokens, before);
      NextRenewal(rows, account, tokens, GrantedOver(|before|, tokens), middle, at, closing, opening);
    }
  }

  /** What so many grants come to. */
  function GrantedOver(grants: nat, tokens: nat): nat {
    if grants == 0 then 0 else GrantedOver(grants - 1, tokens) + tokens
  }

  lemma {:induction false} GrantedOverIsTheirProduct(grants: nat, tokens: nat)
    ensures GrantedOver(grants, tokens) == grants * tokens
  {
    if grants > 0 {
      GrantedOverIsTheirProduct(grants - 1, tokens);
      assert (grants - 1) * tokens + tokens == grants * tokens;
    }
  }

  /**
   Any number of weeks: an account that owes nothing holds exactly one grant however many it
   was given, and a debt is worked off one grant at a time until it is gone.
   */
  lemma ManyRenewals(rows: seq<Entry>, account: string, tokens: nat, periods: seq<(int, Reference, Reference)>)
    requires Lawful(rows) && Clamped(rows) == 0 && periods != []
    ensures WorkedOff(rows, account, tokens, |periods| * tokens, Renewals(rows, account, tokens, periods))
  {
    RenewalsWorkOff(rows, account, tokens, periods);
    GrantedOverIsTheirProduct(|periods|, tokens);
  }

  lemma OneMoreRenewal(rows: seq<Entry>, account: string, tokens: nat, periods: seq<(int, Reference, Reference)>,
                       at: int, closing: Reference, opening: Reference)
    ensures Renewals(rows, account, tokens, periods + [(at, closing, opening)]) ==
            RenewRows(Renewals(rows, account, tokens, periods), account, tokens, at, closing, opening, BOTH)
  {
    assert (periods + [(at, closing, opening)])[..|periods|] == periods;
  }

  lemma FirstRenewal(rows: seq<Entry>, account: string, tokens: nat, at: int, closing: Reference, opening: Reference)
    requires Lawful(rows) && Clamped(rows) == 0
    ensures WorkedOff(rows, account, tokens, tokens, RenewRows(rows, account, tokens, at, closing, opening, BOTH))
  {
    BalanceAddsUp(rows, account);
    RenewalClosedForm(rows, account, tokens, at, closing, opening, BOTH);
  }

  /** Debt or no debt, from the balance alone: either pool is zero when the other side owes. */
  lemma BalanceAddsUp(rows: seq<Entry>, account: string)
    requires Lawful(rows) && Clamped(rows) == 0
    ensures
      var b := BalanceOf(account, rows);
      && b.Total() == Max(0, Signed(rows)) && b.granted >= 0 && b.purchased >= 0
  {
    PoolsAddUp(rows);
  }

  lemma NextRenewal(rows: seq<Entry>, account: string, tokens: nat, worked: int, middle: seq<Entry>,
                    at: int, closing: Reference, opening: Reference)
    requires WorkedOff(rows, account, tokens, worked, middle) && worked >= 0 && Lawful(rows) && Clamped(rows) == 0
    ensures WorkedOff(rows, account, tokens, worked + tokens,
                      RenewRows(middle, account, tokens, at, closing, opening, BOTH))
  {
    BalanceAddsUp(rows, account);
    BalanceAddsUp(middle, account);
    RenewalClosedForm(middle, account, tokens, at, closing, opening, BOTH);
  }

  /** A week: whatever was bought and spent in it, and the renewal that ends it, as far as it lands. */
  datatype Week = Week(between: seq<Entry>, tokens: nat, at: int,
                       closing: Reference, opening: Reference, landing: Landing)

  function Weeks(rows: seq<Entry>, account: string, weeks: seq<Week>): seq<Entry> {
    if weeks == [] then rows
    else
      var week := weeks[|weeks| - 1];
      RenewRows(Weeks(rows, account, weeks[..|weeks| - 1]) + week.between,
                account, week.tokens, week.at, week.closing, week.opening, week.landing)
  }

  ghost predicate NoExpiry(rows: seq<Entry>) { forall i :: 0 <= i < |rows| ==> !rows[i].kind.Expiry? }

  lemma {:induction false} ActivityClampsNothing(rows: seq<Entry>, between: seq<Entry>)
    requires Lawful(rows) && Lawful(between) && NoExpiry(between)
    ensures Lawful(rows + between) && Clamped(rows + between) == Clamped(rows)
    ensures Signed(rows + between) == Signed(rows) + Signed(between)
    decreases |between|
  {
    if between == [] {
      assert rows + between == rows;
    } else {
      ActivityClampsNothing(rows, between[..|between| - 1]);
      assert (rows + between)[..|rows + between| - 1] == rows + between[..|between| - 1];
    }
  }

  /**
   What a week leaves of the rows it ended with: everything bought and not spent; at most one
   grant, if what was left of the last one was taken back; and with both rows written every
   token that was overspent is still counted.
   */
  ghost predicate WeekEnded(spent: seq<Entry>, account: string, week: Week, after: seq<Entry>) {
    && Lawful(after) && Clamped(after) == 0
    && BalanceOf(account, after) == RenewedBalance(spent, account, week.tokens, week.landing)
    && BalanceOf(account, after).purchased == BalanceOf(account, spent).purchased
    && (week.landing.expiry ==> BalanceOf(account, after).granted <= week.tokens)
    && (week.landing == BOTH ==>
          BalanceOf(account, after).Total() ==
          Max(0, week.tokens + (if Signed(spent) >= 0 then BalanceOf(account, spent).purchased else Signed(spent))))
  }

  /** Any number of weeks with anything bought and spent in them, whichever rows of their renewals land. */
  lemma {:induction false} SpendingWeeks(rows: seq<Entry>, account: string, weeks: seq<Week>)
    requires Lawful(rows) && Clamped(rows) == 0 && weeks != []
    requires forall n :: 0 <= n < |weeks| ==> Lawful(weeks[n].between) && NoExpiry(weeks[n].between)
    ensures
      var last := weeks[|weeks| - 1];
      WeekEnded(Weeks(rows, account, weeks[..|weeks| - 1]) + last.between, account, last, Weeks(rows, account, weeks))
  {
    var before, last := weeks[..|weeks| - 1], weeks[|weeks| - 1];
    if before != [] {
      SpendingWeeks(rows, account, before);
    }
    OneSpendingWeek(Weeks(rows, account, before), account, last);
  }

  lemma OneSpendingWeek(rows: seq<Entry>, account: string, week: Week)
    requires Lawful(rows) && Clamped(rows) == 0 && Lawful(week.between) && NoExpiry(week.between)
    ensures
      var spent := rows + week.between;
      WeekEnded(spent, account, week,
                RenewRows(spent, account, week.tokens, week.at, week.closing, week.opening, week.landing))
  {
    var spent := rows + week.between;
    ActivityClampsNothing(rows, week.between);
    RenewalClosedForm(spent, account, week.tokens, week.at, week.closing, week.opening, week.landing);
    RenewalEndsTheWeek(spent, account, week,
                       RenewRows(spent, account, week.tokens, week.at, week.closing, week.opening, week.landing));
  }

  lemma RenewalEndsTheWeek(spent: seq<Entry>, account: string, week: Week, after: seq<Entry>)
    requires Lawful(spent) && Clamped(spent) == 0 && Lawful(after) && Clamped(after) == 0
    requires BalanceOf(account, after) == RenewedBalance(spent, account, week.tokens, week.landing)
    ensures WeekEnded(spent, account, week, after)
  {
    BalanceAddsUp(spent, account);
  }

  lemma OneMoreWeekOfRows(rows: seq<Entry>, account: string, weeks: seq<Week>, week: Week)
    ensures Weeks(rows, account, weeks + [week]) ==
            RenewRows(Weeks(rows, account, weeks) + week.between,
                      account, week.tokens, week.at, week.closing, week.opening, week.landing)
  {
    assert (weeks + [week])[..|weeks|] == weeks;
  }
}
