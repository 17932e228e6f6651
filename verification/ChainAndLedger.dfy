/**
 The contract and the ledger together. The contract sells periods on its own clock; the gateway
 reads it when it settles an account and grants tokens keyed on the start of the stretch it
 sees. Every schedule of contract calls, ticks, reads and other billing steps is considered.
 */
module ChainAndLedger {
  import opened Prelude
  import opened Ledger
  import opened Catalog
  import opened Store
  import opened Billing
  import Service = BillingRuns
  import Contract = SubscriptionsContract
  import History = ContractHistory

  datatype World = World(chain: History.Chain, gateway: Service.Gateway)

  datatype Step =
    | OnLedger(step: History.Step)
    | Read(account: string, now: int, reachable: bool)
    | Elsewhere(other: Service.Step)

  /** What a read is told: silence when the contract cannot be asked, or never sold to the account. */
  function Answer(s: Contract.State, account: string, reachable: bool): ChainAnswer {
    if reachable && account in s.subs
    then Reports(s.subs[account].plan, s.subs[account].started, s.subs[account].expires)
    else Silent
  }

  /** A settling never makes up what the chain said: those steps go through `Read`. */
  function Next(u: Service.Setup, self: Contract.Address, w: World, step: Step): World {
    match step
    case OnLedger(call) => w.(chain := History.Next(self, w.chain, call))
    case Read(account, now, reachable) =>
      w.(gateway := Service.Next(u, w.gateway, Service.Settle(account, now, Answer(w.chain.state, account, reachable))))
    case Elsewhere(other) => if other.Settle? then w else w.(gateway := Service.Next(u, w.gateway, other))
  }

  function Run(u: Service.Setup, self: Contract.Address, w: World, steps: seq<Step>): World {
    if steps == [] then w else Next(u, self, Run(u, self, w, steps[..|steps| - 1]), steps[|steps| - 1])
  }

  function Start(balances: map<Contract.Address, nat>, now: Contract.u64): World {
    World(History.Genesis(balances, now), Service.START)
  }

  // ---------- rows and stretches ----------

  predicate IsMirror(e: Entry, account: string) { e.account == account && e.reference.OnChain? }

  /** How many on-chain grants the ledger holds for an account. */
  function Mirrors(ledger: seq<Entry>, account: string): nat {
    if ledger == [] then 0
    else Mirrors(ledger[..|ledger| - 1], account) + (if IsMirror(ledger[|ledger| - 1], account) then 1 else 0)
  }

  function KeyOf(r: Reference): (string, int)
    requires r.OnChain?
  {
    (r.plan, r.started)
  }

  function Keys(ledger: seq<Entry>, account: string): set<(string, int)> {
    set n | 0 <= n < |ledger| && IsMirror(ledger[n], account) :: KeyOf(ledger[n].reference)
  }

  lemma {:induction false} OneRowPerKey(ledger: seq<Entry>, account: string)
    requires Unique(ledger)
    ensures Mirrors(ledger, account) == |Keys(ledger, account)|
  {
    if ledger != [] {
      var before, last := ledger[..|ledger| - 1], ledger[|ledger| - 1];
      OneRowPerKey(before, account);
      KeysOneMore(ledger, account);
      if IsMirror(last, account) {
        LastKeyIsNew(ledger, account);
      }
    }
  }

  lemma KeysOneMore(ledger: seq<Entry>, account: string)
    requires ledger != []
    ensures
      var before, last := Keys(ledger[..|ledger| - 1], account), ledger[|ledger| - 1];
      Keys(ledger, account) == if IsMirror(last, account) then before + {KeyOf(last.reference)} else before
  {
    var before, last := ledger[..|ledger| - 1], ledger[|ledger| - 1];
    assert forall n :: 0 <= n < |before| ==> ledger[n] == before[n];
    forall key
      ensures key in Keys(ledger, account) <==>
              key in Keys(before, account) || (IsMirror(last, account) && key == KeyOf(last.reference))
    {
      if key in Keys(ledger, account) {
        var n :| 0 <= n < |ledger| && IsMirror(ledger[n], account) && KeyOf(ledger[n].reference) == key;
      }
      if key in Keys(before, account) {
        var n :| 0 <= n < |before| && IsMirror(before[n], account) && KeyOf(before[n].reference) == key;
        assert ledger[n] == before[n];
      }
    }
  }

  lemma LastKeyIsNew(ledger: seq<Entry>, account: string)
    requires Unique(ledger) && ledger != [] && IsMirror(ledger[|ledger| - 1], account)
    ensures KeyOf(ledger[|ledger| - 1].reference) !in Keys(ledger[..|ledger| - 1], account)
  {
    var last := ledger[|ledger| - 1];
    assert forall n :: 0 <= n < |ledger| - 1 ==> ledger[n].reference != last.reference;
  }

  lemma MirrorsAppend(ledger: seq<Entry>, e: Entry, account: string)
    ensures Mirrors(ledger + [e], account) == Mirrors(ledger, account) + (if IsMirror(e, account) then 1 else 0)
  {
    assert (ledger + [e])[..|ledger|] == ledger;
  }

  /** Every on-chain grant names a stretch its account really opened, and grants what the catalog says. */
  ghost predicate Backed(c: Catalog, chain: History.Chain, e: Entry) {
    e.reference.OnChain? ==>
      && KeyOf(e.reference) in chain.TallyOf(e.account).keys
      && e.kind.Grant?
      && c.Plan(e.reference.plan).Some?
      && e.tokens == c.Plan(e.reference.plan).value.tokens
  }

  ghost predicate Agree(u: Service.Setup, w: World) {
    && History.PaidTimeAdds(w.chain)
    && Service.InvoicesAreSound(u, w.gateway)
    && forall n :: 0 <= n < |w.gateway.books.ledger| ==> Backed(u.catalog, w.chain, w.gateway.books.ledger[n])
  }

  lemma KeysOnlyGrow(self: Contract.Address, chain: History.Chain, step: History.Step, who: string)
    ensures chain.TallyOf(who).keys <= History.Next(self, chain, step).TallyOf(who).keys
  {
  }

  /** What settling adds to the ledger that is keyed on a stretch is the mirror of this very answer. */
  lemma SettlingMirrorsTheAnswer(c: Catalog, b: Books, account: string, now: int, answer: ChainAnswer)
    ensures
      var after := Settled(c, b, account, now, answer).0.ledger;
      && b.ledger <= after
      && forall n :: |b.ledger| <= n < |after| && after[n].reference.OnChain? ==>
                       && answer.Reports?
                       && c.Plan(answer.plan).Some?
                       && after[n] == Entry(account, Grant, c.Plan(answer.plan).value.tokens, now, 0,
                                             OnChain(answer.plan, answer.started))
  {
    Service.SettlingExtends(c, b, account, now, answer);
    if Mirrored(c, b, account, now, answer).None? && b.SubscriptionOf(account).Some?
       && b.subscriptions[account].Due(now) {
      ClosingMirrorsNothing(c, b, account, now);
    }
  }

  lemma ClosingMirrorsNothing(c: Catalog, b: Books, account: string, now: int)
    requires account in b.subscriptions
    ensures
      var after := Closed(c, b, account, b.subscriptions[account], now).0.ledger;
      b.ledger <= after && forall n :: |b.ledger| <= n < |after| ==> !after[n].reference.OnChain?
  {
    var expired := GrantExpired(b, account, b.subscriptions[account], now).ledger;
    assert b.ledger <= expired && forall n :: |b.ledger| <= n < |expired| ==> expired[n].reference.ForExpiry?;
  }

  lemma OtherStepsMirrorNothing(u: Service.Setup, g: Service.Gateway, step: Service.Step)
    requires !step.Settle?
    ensures
      var after := Service.Next(u, g, step).books.ledger;
      g.books.ledger <= after && forall n :: |g.books.ledger| <= n < |after| ==> !after[n].reference.OnChain?
  {
  }

  lemma StepKeepsAgreement(u: Service.Setup, self: Contract.Address, w: World, step: Step)
    requires Agree(u, w)
    ensures Agree(u, Next(u, self, w, step))
  {
    var before, after := w.gateway.books.ledger, Next(u, self, w, step).gateway.books.ledger;
    match step
    case OnLedger(call) =>
      History.StepAdds(self, w.chain, call);
      forall n | 0 <= n < |after|
        ensures Backed(u.catalog, Next(u, self, w, step).chain, after[n])
      {
        KeysOnlyGrow(self, w.chain, call, after[n].account);
        assert Backed(u.catalog, w.chain, before[n]);
      }
    case Read(account, now, reachable) =>
      var answer := Answer(w.chain.state, account, reachable);
      Service.StepKeepsInvoices(u, w.gateway, Service.Settle(account, now, answer));
      SettlingMirrorsTheAnswer(u.catalog, w.gateway.books, account, now, answer);
      assert History.Adds(w.chain.state, w.chain.now, account, w.chain.TallyOf(account));
      forall n | 0 <= n < |after|
        ensures Backed(u.catalog, w.chain, after[n])
      {
        if n < |before| {
          assert after[n] == before[n];
        }
      }
    case Elsewhere(other) =>
      if !other.Settle? {
        Service.StepKeepsInvoices(u, w.gateway, other);
        OtherStepsMirrorNothing(u, w.gateway, other);
      }
      forall n | 0 <= n < |after|
        ensures Backed(u.catalog, w.chain, after[n])
      {
        if n < |before| {
          assert after[n] == before[n];
        }
      }
  }

  lemma {:induction false} TheyAlwaysAgree(u: Service.Setup, self: Contract.Address, balances: map<Contract.Address,
                                           nat>,
                                           now: Contract.u64, steps: seq<Step>)
    ensures Agree(u, Run(u, self, Start(balances, now), steps))
  {
    if steps != [] {
      TheyAlwaysAgree(u, self, balances, now, steps[..|steps| - 1]);
      StepKeepsAgreement(u, self, Run(u, self, Start(balances, now), steps[..|steps| - 1]), steps[|steps| - 1]);
    }
  }

  /**
   Over every schedule, an account's on-chain grants are no more than the stretches it opened,
   and those no more than the periods on its receipt, however often it was read.
   */
  lemma GrantsNeverExceedTheReceipt(u: Service.Setup, self: Contract.Address, balances: map<Contract.Address, nat>,
                                    now: Contract.u64, steps: seq<Step>, account: string)
    ensures
      var w := Run(u, self, Start(balances, now), steps);
      var granted := Mirrors(w.gateway.books.ledger, account);
      && granted <= w.chain.TallyOf(account).openings
      && granted <= if account in w.chain.state.subs then w.chain.state.subs[account].periods else 0
  {
    TheyAlwaysAgree(u, self, balances, now, steps);
    var w := Run(u, self, Start(balances, now), steps);
    var ledger := w.gateway.books.ledger;
    OneRowPerKey(ledger, account);
    forall key | key in Keys(ledger, account)
      ensures key in w.chain.TallyOf(account).keys
    {
      var n :| 0 <= n < |ledger| && IsMirror(ledger[n], account) && KeyOf(ledger[n].reference) == key;
      assert Backed(u.catalog, w.chain, ledger[n]);
    }
    SubsetIsNoLarger(Keys(ledger, account), w.chain.TallyOf(account).keys);
    assert History.Adds(w.chain.state, w.chain.now, account, w.chain.TallyOf(account));
  }

  lemma RecordedOnce(ledger: seq<Entry>, r: Reference)
    requires Unique(ledger) && Recorded(ledger, r) && !r.Unreferenced?
    ensures forall n :: 0 <= n < |ledger| && ledger[n].reference == r ==> ledger[n] == Find(ledger, r).value
  {
    var found := Find(ledger, r).value;
    var m :| 0 <= m < |ledger| && ledger[m] == found;
    forall n | 0 <= n < |ledger| && ledger[n].reference == r
      ensures ledger[n] == found
    {
      assert n == m;
    }
  }

  ghost predicate LiveAndSold(u: Service.Setup, w: World, account: string, now: int) {
    && account in w.chain.state.subs
    && now < w.chain.state.subs[account].expires * SECOND
    && u.catalog.Plan(w.chain.state.subs[account].plan).Some?
  }

  function StretchOf(w: World, account: string): Reference
    requires account in w.chain.state.subs
  {
    OnChain(w.chain.state.subs[account].plan, w.chain.state.subs[account].started)
  }

  lemma ReadRecordsTheStretch(u: Service.Setup, self: Contract.Address, w: World, account: string, now: int)
    requires LiveAndSold(u, w, account, now)
    ensures Recorded(Next(u, self, w, Read(account, now, true)).gateway.books.ledger, StretchOf(w, account))
  {
    var row := Entry(account, Grant, u.catalog.Plan(w.chain.state.subs[account].plan).value.tokens, now, 0,
                     StretchOf(w, account));
    assert Next(u, self, w, Read(account, now, true)).gateway.books.ledger == Append(w.gateway.books.ledger, row);
    Service.RecordedGrows(w.gateway.books.ledger, row, StretchOf(w, account));
  }

  /**
   A live stretch that is read is granted: the ledger then holds one row for its key and no
   other, worth what the catalog says, and it is this account's unless another account opened a
   stretch of the same plan in the same second.
   */
  lemma LiveStretchIsGranted(u: Service.Setup, self: Contract.Address, balances: map<Contract.Address, nat>,
                             genesis: Contract.u64, steps: seq<Step>, account: string, now: int)
    requires LiveAndSold(u, Run(u, self, Start(balances, genesis), steps), account, now)
    ensures
      var w := Run(u, self, Start(balances, genesis), steps);
      var key := StretchOf(w, account);
      var after := Next(u, self, w, Read(account, now, true)).gateway.books.ledger;
      && Find(after, key).Some?
      && (forall n :: 0 <= n < |after| && after[n].reference == key ==> after[n] == Find(after, key).value)
      && Find(after, key).value.kind == Grant
      && Find(after, key).value.tokens == u.catalog.Plan(key.plan).value.tokens
      && ((forall other :: other != account ==> KeyOf(key) !in w.chain.TallyOf(other).keys) ==>
            Find(after, key).value.account == account)
  {
    TheyAlwaysAgree(u, self, balances, genesis, steps);
    var w := Run(u, self, Start(balances, genesis), steps);
    StepKeepsAgreement(u, self, w, Read(account, now, true));
    ReadRecordsTheStretch(u, self, w, account, now);
    var w' := Next(u, self, w, Read(account, now, true));
    var after, key := w'.gateway.books.ledger, StretchOf(w, account);
    RecordedOnce(after, key);
    var n :| 0 <= n < |after| && after[n] == Find(after, key).value;
    assert Backed(u.catalog, w'.chain, after[n]);
  }

  /**
   What one more period paid for adds. A subscribe followed by a read grants exactly when the
   stretch it leaves the account in has no row yet; extending a stretch that was already
   granted is paid for, is on the receipt, and grants nothing.
   */
  lemma APeriodGrantsIffItsStretchIsNew(u: Service.Setup, self: Contract.Address, w: World, signers: set<string>,
                                        account: string, id: string, now: int)
    requires Contract.Subscribed(w.chain.state, self, signers, account, id, w.chain.now).Ok?
    requires u.catalog.Plan(id).Some?
    requires
      var standing := Contract.Subscribed(w.chain.state, self, signers, account, id, w.chain.now).value.subs[account];
      now < standing.expires * SECOND
    ensures
      var running := Contract.Extends(w.chain.state, account, id, w.chain.now);
      var started := if running then w.chain.state.subs[account].started else w.chain.now;
      var paid := Next(u, self, w, OnLedger(History.Invoke(signers, History.Subscribe(account, id))));
      var read := Next(u, self, paid, Read(account, now, true));
      && paid.chain.state.subs[account].periods ==
         (if account in w.chain.state.subs then w.chain.state.subs[account].periods else 0) + 1
      && Mirrors(read.gateway.books.ledger, account) ==
         Mirrors(w.gateway.books.ledger, account)
         + (if Recorded(w.gateway.books.ledger, OnChain(id, started)) then 0 else 1)
  {
    var running := Contract.Extends(w.chain.state, account, id, w.chain.now);
    var started := if running then w.chain.state.subs[account].started else w.chain.now;
    var row := Entry(account, Grant, u.catalog.Plan(id).value.tokens, now, 0, OnChain(id, started));
    MirrorsAppend(w.gateway.books.ledger, row, account);
    var paid := Next(u, self, w, OnLedger(History.Invoke(signers, History.Subscribe(account, id))));
    var read := Next(u, self, paid, Read(account, now, true));
    assert read.gateway.books.ledger == Append(w.gateway.books.ledger, row);
  }

  // ---------- a period paid for that grants nothing ----------

  lemma RunOneMore(u: Service.Setup, self: Contract.Address, w: World, steps: seq<Step>, step: Step)
    ensures Run(u, self, w, steps + [step]) == Next(u, self, Run(u, self, w, steps), step)
  {
    assert (steps + [step])[..|steps|] == steps;
  }

  function Subscribing(account: string, id: string): Step {
    OnLedger(History.Invoke({account}, History.Subscribe(account, id)))
  }

  /** One plan on sale, and an account that pays for it, is read, pays again at once and is read again. */
  function RenewingEarly(admin: string, token: string, account: string, id: string, plan: Contract.Plan,
                         seen: int): seq<Step> {
    [OnLedger(History.Invoke({}, History.Initialise(admin, token)))]
    + [OnLedger(History.Invoke({admin}, History.SetPlan(id, plan)))]
    + [Subscribing(account, id)] + [Read(account, seen, true)]
    + [Subscribing(account, id)] + [Read(account, seen, true)]
  }

  function OnSale(admin: string, token: string, id: string, plan: Contract.Plan, balances: map<Contract.Address,
                  nat>): Contract.State {
    Contract.State(Some(admin), Some(token), [id], map[id := plan], map[], balances)
  }

  lemma PutOnSale(u: Service.Setup, self: Contract.Address, balances: map<Contract.Address, nat>, now: Contract.u64,
                  admin: string, token: string, id: string, plan: Contract.Plan)
    requires plan.price > 0 && plan.period > 0
    ensures
      var ready := Next(u, self, Start(balances, now), OnLedger(History.Invoke({}, History.Initialise(admin, token))));
      Next(u, self, ready, OnLedger(History.Invoke({admin}, History.SetPlan(id, plan)))) ==
      World(History.Chain(OnSale(admin, token, id, plan, balances), now, map[], 0, 0), Service.START)
  {
    assert [] + [id] == [id];
  }

  /** The account can pay for one more period, which ends within the clock. */
  predicate CanPay(w: World, self: Contract.Address, account: string, id: string) {
    && w.chain.state.token.Some? && account != self
    && id in w.chain.state.plans && w.chain.state.plans[id].active
    && 0 < w.chain.state.plans[id].price <= Contract.Held(w.chain.state.balances, account)
    && Contract.Renewed(w.chain.state, account, id, w.chain.state.plans[id].period, w.chain.now).Some?
  }

  /** What one period paid for and read leaves: its price gone, its stretch recorded, and a grant if that is new. */
  lemma PaidAndRead(u: Service.Setup, self: Contract.Address, w: World, account: string, id: string, seen: int)
    requires CanPay(w, self, account, id) && u.catalog.Plan(id).Some?
    requires
      var standing := Contract.Renewed(w.chain.state, account, id, w.chain.state.plans[id].period, w.chain.now).value;
      seen < standing.expires * SECOND
    ensures
      var s := w.chain.state;
      var standing := Contract.Renewed(s, account, id, s.plans[id].period, w.chain.now).value;
      var read := Next(u, self, Next(u, self, w, Subscribing(account, id)), Read(account, seen, true));
      && read.chain.now == w.chain.now && read.chain.charged == w.chain.charged + s.plans[id].price
      && read.chain.state.token == s.token && read.chain.state.plans == s.plans
      && Contract.Held(read.chain.state.balances, account) == Contract.Held(s.balances, account) - s.plans[id].price
      && account in read.chain.state.subs && read.chain.state.subs[account] == standing
      && Recorded(read.gateway.books.ledger, OnChain(id, standing.started))
      && Mirrors(read.gateway.books.ledger, account) ==
         Mirrors(w.gateway.books.ledger, account)
         + (if Recorded(w.gateway.books.ledger, OnChain(id, standing.started)) then 0 else 1)
  {
    var paid := Next(u, self, w, Subscribing(account, id));
    APeriodGrantsIffItsStretchIsNew(u, self, w, {account}, account, id, seen);
    ReadRecordsTheStretch(u, self, paid, account, seen);
  }

  lemma FirstPeriodAndSecond(u: Service.Setup, self: Contract.Address, w: World, account: string, id: string, seen: int)
    requires CanPay(w, self, account, id) && u.catalog.Plan(id).Some? && account !in w.chain.state.subs
    requires w.gateway == Service.START
    requires
      var plan := w.chain.state.plans[id];
      && plan.period > 0 && 2 * plan.price <= Contract.Held(w.chain.state.balances, account)
      && w.chain.now + 2 * plan.period <= Contract.MAX_U64 && seen < (w.chain.now + plan.period) * SECOND
    ensures
      var once := Next(u, self, Next(u, self, w, Subscribing(account, id)), Read(account, seen, true));
      var twice := Next(u, self, Next(u, self, once, Subscribing(account, id)), Read(account, seen, true));
      && twice.chain.charged == w.chain.charged + 2 * w.chain.state.plans[id].price
      && account in twice.chain.state.subs && twice.chain.state.subs[account].periods == 2
      && Mirrors(twice.gateway.books.ledger, account) == 1
  {
    PaidAndRead(u, self, w, account, id, seen);
    var once := Next(u, self, Next(u, self, w, Subscribing(account, id)), Read(account, seen, true));
    assert once.chain.state.subs[account] ==
           Contract.Standing(id, w.chain.now, w.chain.now + w.chain.state.plans[id].period, 1);
    PaidAndRead(u, self, once, account, id, seen);
  }

  /**
   And it is reached: an account that renews while its first stretch runs has paid for two
   periods, the receipt says so, and it was granted one.
   */
  lemma RenewingEarlyGrantsOnce(u: Service.Setup, self: Contract.Address, balances: map<Contract.Address, nat>,
                                now: Contract.u64, admin: string, token: string, account: string, id: string,
                                plan: Contract.Plan, seen: int)
    requires plan.active && plan.price > 0 && plan.period > 0 && u.catalog.Plan(id).Some? && account != self
    requires 2 * plan.price <= Contract.Held(balances, account) && now + 2 * plan.period <= Contract.MAX_U64
    requires seen < (now + plan.period) * SECOND
    ensures
      var w := Run(u, self, Start(balances, now), RenewingEarly(admin, token, account, id, plan, seen));
      && w.chain.charged == 2 * plan.price
      && account in w.chain.state.subs && w.chain.state.subs[account].periods == 2
      && Mirrors(w.gateway.books.ledger, account) == 1
  {
    RunOfSix(u, self, Start(balances, now), OnLedger(History.Invoke({}, History.Initialise(admin, token))),
             OnLedger(History.Invoke({admin}, History.SetPlan(id, plan))),
             Subscribing(account, id), Read(account, seen, true), Subscribing(account, id), Read(account, seen, true));
    PutOnSale(u, self, balances, now, admin, token, id, plan);
    FirstPeriodAndSecond(u, self,
                         World(History.Chain(OnSale(admin, token, id, plan, balances), now, map[], 0, 0),
                               Service.START),
                         account, id, seen);
  }

  lemma RunOfSix(u: Service.Setup, self: Contract.Address, w: World, a: Step, b: Step, c: Step, d: Step, e: Step,
                 f: Step)
    ensures Run(u, self, w, [a] + [b] + [c] + [d] + [e] + [f]) ==
            Next(u, self, Next(u, self, Next(u, self, Next(u, self, Next(u, self, Next(u, self, w, a), b), c), d),
                          e), f)
  {
    RunOneMore(u, self, w, [], a);
    assert [] + [a] == [a];
    RunOneMore(u, self, w, [a], b);
    RunOneMore(u, self, w, [a] + [b], c);
    RunOneMore(u, self, w, [a] + [b] + [c], d);
    RunOneMore(u, self, w, [a] + [b] + [c] + [d], e);
    RunOneMore(u, self, w, [a] + [b] + [c] + [d] + [e], f);
  }
}
